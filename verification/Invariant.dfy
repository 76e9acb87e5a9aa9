/** The invariant of Execute, kept by every one of its steps under every injected
    failure and every iteration order. */
module Invariant {
  import opened Names
  import opened Disk
  import opened Execution

  /** The body a run fetches for item j from tree d, "" for none. */
  function Fresh(r: Request, e: Env, d: Tree, j: nat): string
    requires WellFormed(r) && j < |r.items|
  {
    match Fetched(r, e, d, j) case Body(c) => c case _ => ""
  }

  predicate FetchOk(r: Request, e: Env, d: Tree, j: nat)
    requires WellFormed(r) && j < |r.items|
  {
    Fetched(r, e, d, j).Body? || Fetched(r, e, d, j).NotModified?
  }

  // ---- the names of one request do not meet ----

  lemma LayoutAt(r: Request, e: Env, i: nat)
    requires WellFormed(r) && i < |r.items|
    ensures |PublishedPath(r, i)| == |WrittenPath(r, e, i)| == |LinkPath(r, i)| == |r.dir| + 1
    ensures Parent(PublishedPath(r, i)) == Parent(WrittenPath(r, e, i)) == Parent(LinkPath(r, i)) == r.dir
    ensures PublishedPath(r, i) != WrittenPath(r, e, i) && PublishedPath(r, i) != LinkPath(r, i)
    ensures WrittenPath(r, e, i) != LinkPath(r, i)
    ensures r.dir + [Base(WrittenPath(r, e, i))] == WrittenPath(r, e, i)
  {
    assert ItemOk(r, i);
    NamesApart(Base(PublishedPath(r, i)), Base(PublishedPath(r, i)), e.second, e.second);
    assert Base(WrittenPath(r, e, i)) == Infix(Base(PublishedPath(r, i)), e.second);
    assert Base(LinkPath(r, i)) == Tmp(Base(PublishedPath(r, i)));
  }

  lemma LayoutPair(r: Request, e: Env, i: nat, j: nat)
    requires WellFormed(r) && i < |r.items| && j < |r.items| && i != j
    ensures PublishedPath(r, i) != PublishedPath(r, j) && WrittenPath(r, e, i) != WrittenPath(r, e, j)
    ensures LinkPath(r, i) != LinkPath(r, j)
    ensures PublishedPath(r, i) != WrittenPath(r, e, j) && PublishedPath(r, i) != LinkPath(r, j)
    ensures WrittenPath(r, e, i) != LinkPath(r, j)
    ensures PublishedPath(r, j) != WrittenPath(r, e, i) && PublishedPath(r, j) != LinkPath(r, i)
    ensures WrittenPath(r, e, j) != LinkPath(r, i)
  {
    assert ItemOk(r, i) && ItemOk(r, j);
    var p, q := PublishedPath(r, i), PublishedPath(r, j);
    assert p != q && p == r.dir + [Base(p)] && q == r.dir + [Base(q)];
    NamesApart(Base(p), Base(q), e.second, e.second);
    NamesApart(Base(q), Base(p), e.second, e.second);
    assert Base(WrittenPath(r, e, i)) == Infix(Base(p), e.second) && Base(LinkPath(r, i)) == Tmp(Base(p));
    assert Base(WrittenPath(r, e, j)) == Infix(Base(q), e.second) && Base(LinkPath(r, j)) == Tmp(Base(q));
  }

  // ---- the premises on the tree a run starts from ----

  /** A published name is absent, a plain file, or a link to an existing file that
      is itself neither a published nor a temporary name. */
  predicate EntryOk(r: Request, d: Tree, j: nat)
    requires WellFormed(r) && j < |r.items|
  {
    PublishedPath(r, j) in d ==>
      match d[PublishedPath(r, j)]
      case Dir => false
      case File(_, _, _) => true
      case Link(target) =>
        var q := r.dir + [target];
        && q in d && d[q].File?
        && forall i | 0 <= i < |r.items| :: q != PublishedPath(r, i) && q != LinkPath(r, i)
  }

  predicate EntriesOk(r: Request, d: Tree)
    requires WellFormed(r)
  {
    forall j | 0 <= j < |r.items| :: EntryOk(r, d, j)
  }

  /** No published name links to a file this second's run would write. */
  predicate Unlinked(r: Request, e: Env, d: Tree)
    requires WellFormed(r)
  {
    forall i, j | 0 <= i < |r.items| && 0 <= j < |r.items| ::
      PublishedPath(r, i) in d ==> d[PublishedPath(r, i)] != Link(Base(WrittenPath(r, e, j)))
  }

  predicate Ready(r: Request, e: Env, d: Tree) {
    && WellFormed(r) && Empty(r) && Permutes(e.order, |r.items|)
    && EntriesOk(r, d) && Unlinked(r, e, d)
  }

  // ---- the invariant ----

  predicate Touches(r: Request, e: Env, q: Path)
    requires WellFormed(r)
  {
    || q == r.dir
    || exists j | 0 <= j < |r.items| ::
         q == PublishedPath(r, j) || q == WrittenPath(r, e, j) || q == LinkPath(r, j)
  }

  ghost predicate Frame(r: Request, e: Env, d: Tree, t: Tree)
    requires WellFormed(r)
  {
    && (forall q | !Touches(r, e, q) :: Same(t, d, q))
    && (Same(t, d, r.dir) || (r.dir !in d && r.dir in t && t[r.dir] == Dir))
  }

  predicate Working(pc: PC, j: nat) {
    pc == ChmodAt(j) || pc == WriteSome(j) || pc == WriteAll(j) || pc == Cleanup(j)
  }

  /** What is at x, if anything, is a file no more open than the item allows. */
  predicate OwnFile(r: Request, t: Tree, x: Path, j: nat)
    requires j < |r.items|
  {
    x in t ==> t[x].File? && (r.items[j].private ==> t[x].mode == PRIVATE_MODE)
  }

  /** The state of item j, whatever the program counter. */
  predicate ItemState(r: Request, e: Env, d: Tree, l: Local, t: Tree, j: nat)
    requires WellFormed(r) && |l.data| == |r.items| && j < |r.items|
  {
    var p, x := PublishedPath(r, j), WrittenPath(r, e, j);
    var f := Finished(r, e, j, Fresh(r, e, d, j));
    && (j in l.published ==>
         if e.symlink then p in t && t[p] == Link(Base(x)) && x in t && t[x] == f
         else p in t && t[p] == f && x !in t)
    && (j in l.written && j !in l.published ==> x in t && t[x] == f)
    && (j !in l.published ==> Same(t, d, p))
    && (j !in l.written ==>
         || Same(t, d, x)
         || ((Working(l.pc, j) || l.pc == Done(false)) && OwnFile(r, t, x, j)))
  }

  ghost function Wanted(l: Local, upto: nat): set<nat>
    requires upto <= |l.data|
  {
    set j | 0 <= j < upto && l.data[j] != ""
  }

  ghost function Reached(e: Env, l: Local, k: nat): set<nat>
    requires k <= |e.order| && forall x | 0 <= x < |e.order| :: e.order[x] < |l.data|
  {
    set x | 0 <= x < k && l.data[e.order[x]] != "" :: e.order[x]
  }

  ghost predicate FetchedAll(r: Request, e: Env, d: Tree, l: Local)
    requires WellFormed(r) && |l.data| == |r.items|
  {
    forall j | 0 <= j < |r.items| :: l.data[j] == Fresh(r, e, d, j) && FetchOk(r, e, d, j)
  }

  ghost predicate Phase(r: Request, e: Env, d: Tree, l: Local, t: Tree)
    requires WellFormed(r) && Sane(r, e, l)
  {
    match l.pc
    case Fetch(i) =>
      && t == d && l.written == {} == l.published
      && (forall j | 0 <= j < i :: l.data[j] == Fresh(r, e, d, j) && FetchOk(r, e, d, j))
      && (forall j | i <= j < |r.items| :: l.data[j] == "")
    case Next(i) => Writing(r, e, d, l, i)
    case MkdirAt(i) => Writing(r, e, d, l, i) && l.data[i] != ""
    case LstatAt(i) => Writing(r, e, d, l, i) && l.data[i] != ""
    case OpenAt(i) => Writing(r, e, d, l, i) && l.data[i] != ""
    case ChmodAt(i) => Writing(r, e, d, l, i) && l.data[i] != ""
      && WrittenPath(r, e, i) in t && t[WrittenPath(r, e, i)] == File("", WithUmask(Mode(r.items[i])), e.wrote(i))
    case WriteSome(i) => Writing(r, e, d, l, i) && l.data[i] != ""
      && WrittenPath(r, e, i) in t && t[WrittenPath(r, e, i)] == File("", Mode(r.items[i]), e.wrote(i))
    case WriteAll(i) => Writing(r, e, d, l, i) && l.data[i] != ""
      && WrittenPath(r, e, i) in t && t[WrittenPath(r, e, i)].File? && t[WrittenPath(r, e, i)].mode == Mode(r.items[i])
    case Cleanup(i) => Writing(r, e, d, l, i) && l.data[i] != ""
    case Publish(k) => Publishing(r, e, d, l, k)
    case RemoveTmp(k) => Publishing(r, e, d, l, k) && l.data[e.order[k]] != "" && e.symlink
    case SymlinkAt(k) => Publishing(r, e, d, l, k) && l.data[e.order[k]] != "" && e.symlink
    case RenameAt(k) => Publishing(r, e, d, l, k) && l.data[e.order[k]] != ""
      && (e.symlink ==>
            LinkPath(r, e.order[k]) in t
            && t[LinkPath(r, e.order[k])] == Link(Base(WrittenPath(r, e, e.order[k]))))
    case Lock => Publishing(r, e, d, l, |r.items|)
    case Hook => Publishing(r, e, d, l, |r.items|)
    case Done(true) => Publishing(r, e, d, l, |r.items|)
    case Done(false) =>
      if t == d && l.written == {} == l.published then true else FetchedAll(r, e, d, l)
  }

  ghost predicate Writing(r: Request, e: Env, d: Tree, l: Local, i: nat)
    requires WellFormed(r) && |l.data| == |r.items| && i <= |r.items|
  {
    FetchedAll(r, e, d, l) && l.written == Wanted(l, i) && l.published == {}
  }

  ghost predicate Publishing(r: Request, e: Env, d: Tree, l: Local, k: nat)
    requires WellFormed(r) && Sane(r, e, l) && k <= |r.items|
  {
    FetchedAll(r, e, d, l) && l.written == Wanted(l, |r.items|) && l.published == Reached(e, l, k)
  }

  ghost predicate Inv(r: Request, e: Env, d: Tree, l: Local, t: Tree) {
    && Ready(r, e, d) && Sane(r, e, l)
    && Frame(r, e, d, t)
    && l.published <= l.written
    && (forall j | j in l.written :: j < |r.items| && Fresh(r, e, d, j) != "")
    && (forall j | 0 <= j < |r.items| :: ItemState(r, e, d, l, t, j))
    && Phase(r, e, d, l, t)
  }

  lemma InvInit(r: Request, e: Env, d: Tree)
    requires Ready(r, e, d)
    ensures Inv(r, e, d, Init(r), d)
  {
  }

  lemma InvFetch(r: Request, e: Env, d: Tree, l: Local, t: Tree)
    requires Inv(r, e, d, l, t) && l.pc.Fetch?
    ensures Inv(r, e, d, FetchStep(r, e, l, t), t)
  {
    var l' := FetchStep(r, e, l, t);
    if l.pc.i == |r.items| {
      assert Wanted(l', 0) == {};
    }
  }

  /** With the tree and the bookkeeping unchanged, only leaving a work step matters. */
  lemma ItemsKept(r: Request, e: Env, d: Tree, l: Local, l': Local, t: Tree)
    requires Inv(r, e, d, l, t) && !Calling(l.pc) && l.pc != Done(false)
    requires Sane(r, e, l') && l'.written == l.written && l'.published == l.published
    ensures forall j | 0 <= j < |r.items| :: ItemState(r, e, d, l', t, j)
  {
    forall j | 0 <= j < |r.items|
      ensures ItemState(r, e, d, l', t, j)
    {
      assert ItemState(r, e, d, l, t, j);
    }
  }

  lemma NextSilent(r: Request, e: Env, d: Tree, l: Local, t: Tree)
    requires Inv(r, e, d, l, t) && l.pc.Next?
    ensures Phase(r, e, d, Silent(r, e, l), t)
  {
    var l', i := Silent(r, e, l), l.pc.i;
    if i == |r.items| {
      assert Reached(e, l', 0) == {};
    } else if l.data[i] == "" {
      assert Wanted(l', i + 1) == Wanted(l, i);
    }
  }

  lemma PublishSilent(r: Request, e: Env, d: Tree, l: Local, t: Tree)
    requires Inv(r, e, d, l, t) && l.pc.Publish?
    ensures Phase(r, e, d, Silent(r, e, l), t)
  {
    var l', k := Silent(r, e, l), l.pc.k;
    if k < |r.items| && l.data[e.order[k]] == "" {
      assert Reached(e, l', k + 1) == Reached(e, l, k);
    }
  }

  lemma PhaseSilent(r: Request, e: Env, d: Tree, l: Local, t: Tree)
    requires Inv(r, e, d, l, t) && !l.pc.Fetch? && !Calling(l.pc)
    ensures Phase(r, e, d, Silent(r, e, l), t)
  {
    if l.pc.Next? {
      NextSilent(r, e, d, l, t);
    } else if l.pc.Publish? {
      PublishSilent(r, e, d, l, t);
    }
  }

  lemma InvSilent(r: Request, e: Env, d: Tree, l: Local, t: Tree)
    requires Inv(r, e, d, l, t) && !l.pc.Fetch? && !Calling(l.pc)
    ensures Inv(r, e, d, Silent(r, e, l), t)
  {
    PhaseSilent(r, e, d, l, t);
    if l.pc != Done(false) {
      ItemsKept(r, e, d, l, Silent(r, e, l), t);
    }
  }

  // ---- steps that call the kernel ----

  predicate WritePC(pc: PC) {
    pc.MkdirAt? || pc.LstatAt? || pc.OpenAt? || pc.ChmodAt? || pc.WriteSome? || pc.WriteAll? || pc.Cleanup?
  }

  function CallStep(r: Request, e: Env, l: Local, t: Tree): (Local, Tree)
    requires WellFormed(r) && Sane(r, e, l) && Calling(l.pc)
  {
    var (t', err) := Syscall(t, CallAt(r, e, l), e.fault(l.calls));
    (React(r, e, l, err), t')
  }

  /** An item whose names are untouched keeps its state. */
  lemma ItemKept(r: Request, e: Env, d: Tree, l: Local, t: Tree, l': Local, t': Tree, j: nat)
    requires WellFormed(r) && |l.data| == |l'.data| == |r.items| && j < |r.items|
    requires ItemState(r, e, d, l, t, j)
    requires Same(t', t, PublishedPath(r, j)) && Same(t', t, WrittenPath(r, e, j))
    requires j in l'.written <==> j in l.written
    requires j in l'.published <==> j in l.published
    requires j !in l.written && !Same(t, d, WrittenPath(r, e, j)) ==> Working(l'.pc, j) || l'.pc == Done(false)
    ensures ItemState(r, e, d, l', t', j)
  {
  }

  /** Changing only names of the request keeps everything else. */
  lemma FrameKept(r: Request, e: Env, d: Tree, t: Tree, t': Tree, changed: set<Path>)
    requires WellFormed(r) && Frame(r, e, d, t)
    requires forall q | q !in changed :: Same(t', t, q)
    requires forall q | q in changed :: Touches(r, e, q)
    requires r.dir in changed ==> Same(t', t, r.dir) || (r.dir !in t && r.dir in t' && t'[r.dir] == Dir)
    ensures Frame(r, e, d, t')
  {
    forall q | !Touches(r, e, q)
      ensures Same(t', d, q)
    {
      assert Same(t', t, q) && Same(t, d, q);
    }
  }

  /** All a writing step for item i may do. */
  ghost predicate WriteEffect(r: Request, e: Env, l: Local, t: Tree, l': Local, t': Tree, i: nat)
    requires WellFormed(r) && i < |r.items|
  {
    && (forall q | q != WrittenPath(r, e, i) && q != r.dir :: Same(t', t, q))
    && (Same(t', t, r.dir) || (r.dir !in t && r.dir in t' && t'[r.dir] == Dir))
    && |l'.data| == |l.data| && l'.published == l.published
    && (l'.written == l.written || l'.written == l.written + {i})
  }

  lemma WriteEffectOf(r: Request, e: Env, l: Local, t: Tree, t': Tree, err: Errno)
    requires WellFormed(r) && Sane(r, e, l) && WritePC(l.pc)
    requires forall q | q !in Paths(CallAt(r, e, l)) :: Same(t', t, q)
    requires Same(t', t, r.dir) || (r.dir !in t && r.dir in t' && t'[r.dir] == Dir)
    ensures WriteEffect(r, e, l, t, React(r, e, l, err), t', l.pc.i)
  {
  }

  lemma WriteEffectHolds(r: Request, e: Env, l: Local, t: Tree)
    requires WellFormed(r) && Sane(r, e, l) && WritePC(l.pc)
    ensures var (l', t') := CallStep(r, e, l, t); WriteEffect(r, e, l, t, l', t', l.pc.i)
  {
    var c, fault := CallAt(r, e, l), e.fault(l.calls);
    var (t', err) := Syscall(t, c, fault);
    CallFrame(t, c, fault);
    LayoutAt(r, e, l.pc.i);
    assert r.dir in Paths(c) ==> l.pc.MkdirAt?;
    WriteEffectOf(r, e, l, t, t', err);
  }

  lemma WriteElsewhere(r: Request, e: Env, d: Tree, l: Local, t: Tree, l': Local, t': Tree, j: nat)
    requires WellFormed(r) && |l.data| == |r.items| && WritePC(l.pc) && l.pc.i < |r.items|
    requires j < |r.items| && j != l.pc.i && ItemState(r, e, d, l, t, j)
    requires WriteEffect(r, e, l, t, l', t', l.pc.i)
    ensures ItemState(r, e, d, l', t', j)
  {
    LayoutAt(r, e, j);
    LayoutPair(r, e, l.pc.i, j);
    ItemKept(r, e, d, l, t, l', t', j);
  }

  lemma WriteDir(r: Request, e: Env, d: Tree, l: Local, t: Tree)
    requires Inv(r, e, d, l, t) && (l.pc.MkdirAt? || l.pc.LstatAt?)
    ensures var (l', t') := CallStep(r, e, l, t);
      && ItemState(r, e, d, l', t', l.pc.i) && Phase(r, e, d, l', t')
  {
    var (l', t') := CallStep(r, e, l, t);
    assert ItemState(r, e, d, l, t, l.pc.i);
    LayoutAt(r, e, l.pc.i);
  }

  lemma WriteOpen(r: Request, e: Env, d: Tree, l: Local, t: Tree)
    requires Inv(r, e, d, l, t) && (l.pc.OpenAt?)
    ensures var (l', t') := CallStep(r, e, l, t);
      && ItemState(r, e, d, l', t', l.pc.i) && Phase(r, e, d, l', t')
  {
    var (l', t') := CallStep(r, e, l, t);
    assert ItemState(r, e, d, l, t, l.pc.i);
    LayoutAt(r, e, l.pc.i);
  }

  lemma WriteMode(r: Request, e: Env, d: Tree, l: Local, t: Tree)
    requires Inv(r, e, d, l, t) && l.pc.ChmodAt?
    ensures var (l', t') := CallStep(r, e, l, t);
      && ItemState(r, e, d, l', t', l.pc.i) && Phase(r, e, d, l', t')
  {
    var (l', t') := CallStep(r, e, l, t);
    assert ItemState(r, e, d, l, t, l.pc.i);
    LayoutAt(r, e, l.pc.i);
  }

  lemma WritePart(r: Request, e: Env, d: Tree, l: Local, t: Tree)
    requires Inv(r, e, d, l, t) && l.pc.WriteSome?
    ensures var (l', t') := CallStep(r, e, l, t);
      && ItemState(r, e, d, l', t', l.pc.i) && Phase(r, e, d, l', t')
  {
    var (l', t') := CallStep(r, e, l, t);
    assert ItemState(r, e, d, l, t, l.pc.i);
    LayoutAt(r, e, l.pc.i);
  }

  lemma WriteData(r: Request, e: Env, d: Tree, l: Local, t: Tree)
    requires Inv(r, e, d, l, t) && (l.pc.WriteAll?)
    ensures var (l', t') := CallStep(r, e, l, t);
      && ItemState(r, e, d, l', t', l.pc.i) && Phase(r, e, d, l', t')
  {
    var (l', t') := CallStep(r, e, l, t);
    assert ItemState(r, e, d, l, t, l.pc.i);
    LayoutAt(r, e, l.pc.i);
    assert l.pc.WriteAll? ==> Wanted(l', l.pc.i + 1) == Wanted(l, l.pc.i) + {l.pc.i};
  }

  lemma WriteClean(r: Request, e: Env, d: Tree, l: Local, t: Tree)
    requires Inv(r, e, d, l, t) && (l.pc.Cleanup?)
    ensures var (l', t') := CallStep(r, e, l, t);
      && ItemState(r, e, d, l', t', l.pc.i) && Phase(r, e, d, l', t')
  {
    var (l', t') := CallStep(r, e, l, t);
    assert ItemState(r, e, d, l, t, l.pc.i);
    LayoutAt(r, e, l.pc.i);
  }

  lemma InvWrite(r: Request, e: Env, d: Tree, l: Local, t: Tree)
    requires Inv(r, e, d, l, t) && WritePC(l.pc)
    ensures var (l', t') := CallStep(r, e, l, t); Inv(r, e, d, l', t')
  {
    var i := l.pc.i;
    var (l', t') := CallStep(r, e, l, t);
    WriteEffectHolds(r, e, l, t);
    match l.pc {
      case MkdirAt(_) => WriteDir(r, e, d, l, t);
      case LstatAt(_) => WriteDir(r, e, d, l, t);
      case OpenAt(_) => WriteOpen(r, e, d, l, t);
      case ChmodAt(_) => WriteMode(r, e, d, l, t);
      case WriteSome(_) => WritePart(r, e, d, l, t);
      case WriteAll(_) => WriteData(r, e, d, l, t);
      case Cleanup(_) => WriteClean(r, e, d, l, t);
    }
    assert Phase(r, e, d, l', t') && ItemState(r, e, d, l', t', i);
    WriteRest(r, e, d, l, t, l', t');
  }

  lemma WriteRest(r: Request, e: Env, d: Tree, l: Local, t: Tree, l': Local, t': Tree)
    requires Inv(r, e, d, l, t) && WritePC(l.pc) && Sane(r, e, l') && l'.data == l.data
    requires WriteEffect(r, e, l, t, l', t', l.pc.i)
    requires Phase(r, e, d, l', t') && ItemState(r, e, d, l', t', l.pc.i)
    ensures Inv(r, e, d, l', t')
  {
    var i := l.pc.i;
    forall j | 0 <= j < |r.items|
      ensures ItemState(r, e, d, l', t', j)
    {
      if j != i {
        assert ItemState(r, e, d, l, t, j);
        WriteElsewhere(r, e, d, l, t, l', t', j);
      }
    }
    FrameKept(r, e, d, t, t', {r.dir, WrittenPath(r, e, i)});
    assert l.data[i] != "" && l.data[i] == Fresh(r, e, d, i);
  }

  // ---- publishing ----

  predicate PublishPC(pc: PC) { pc.RemoveTmp? || pc.SymlinkAt? || pc.RenameAt? }

  lemma PublishElsewhere(r: Request, e: Env, d: Tree, l: Local, t: Tree, l': Local, t': Tree, j: nat, i: nat)
    requires WellFormed(r) && |l.data| == |r.items| && PublishPC(l.pc)
    requires j < |r.items| && i < |r.items| && i != j && ItemState(r, e, d, l, t, i)
    requires forall q | q != PublishedPath(r, j) && q != WrittenPath(r, e, j) && q != LinkPath(r, j) :: Same(t', t, q)
    requires |l'.data| == |l.data| && l'.written == l.written
    requires l'.published == l.published || l'.published == l.published + {j}
    ensures ItemState(r, e, d, l', t', i)
  {
    LayoutPair(r, e, i, j);
    ItemKept(r, e, d, l, t, l', t', i);
  }

  lemma PublishTmp(r: Request, e: Env, d: Tree, l: Local, t: Tree)
    requires Inv(r, e, d, l, t) && (l.pc.RemoveTmp? || l.pc.SymlinkAt?)
    ensures var (l', t') := CallStep(r, e, l, t);
      ItemState(r, e, d, l', t', e.order[l.pc.k])
  {
    var j := e.order[l.pc.k];
    assert ItemState(r, e, d, l, t, j);
    LayoutAt(r, e, j);
    CallFrame(t, CallAt(r, e, l), e.fault(l.calls));
  }

  lemma PublishLink(r: Request, e: Env, d: Tree, l: Local, t: Tree)
    requires Inv(r, e, d, l, t) && l.pc.RenameAt? && e.symlink
    ensures var (l', t') := CallStep(r, e, l, t);
      ItemState(r, e, d, l', t', e.order[l.pc.k])
  {
    var j := e.order[l.pc.k];
    assert ItemState(r, e, d, l, t, j);
    assert EntryOk(r, d, j);
    LayoutAt(r, e, j);
    assert j in l.written;
  }

  lemma PublishPlain(r: Request, e: Env, d: Tree, l: Local, t: Tree)
    requires Inv(r, e, d, l, t) && l.pc.RenameAt? && !e.symlink
    ensures var (l', t') := CallStep(r, e, l, t);
      ItemState(r, e, d, l', t', e.order[l.pc.k])
  {
    var j := e.order[l.pc.k];
    assert ItemState(r, e, d, l, t, j);
    assert EntryOk(r, d, j);
    LayoutAt(r, e, j);
    assert j in l.written;
  }

  lemma PublishItem(r: Request, e: Env, d: Tree, l: Local, t: Tree)
    requires Inv(r, e, d, l, t) && PublishPC(l.pc)
    ensures var (l', t') := CallStep(r, e, l, t);
      ItemState(r, e, d, l', t', e.order[l.pc.k])
  {
    if !l.pc.RenameAt? {
      PublishTmp(r, e, d, l, t);
    } else if e.symlink {
      PublishLink(r, e, d, l, t);
    } else {
      PublishPlain(r, e, d, l, t);
    }
  }

  lemma PublishEffect(r: Request, e: Env, l: Local, t: Tree)
    requires WellFormed(r) && Sane(r, e, l) && PublishPC(l.pc)
    ensures var (t', err) := Syscall(t, CallAt(r, e, l), e.fault(l.calls));
      var j := e.order[l.pc.k];
      && (forall q | q != PublishedPath(r, j) && q != WrittenPath(r, e, j) && q != LinkPath(r, j) :: Same(t', t, q))
      && (l.pc.SymlinkAt? && err == OK ==>
            LinkPath(r, j) in t' && t'[LinkPath(r, j)] == Link(Base(WrittenPath(r, e, j))))
  {
    CallFrame(t, CallAt(r, e, l), e.fault(l.calls));
  }

  lemma PublishPhase(r: Request, e: Env, d: Tree, l: Local, t: Tree, err: Errno, t': Tree)
    requires Inv(r, e, d, l, t) && PublishPC(l.pc)
    requires var j := e.order[l.pc.k];
      l.pc.SymlinkAt? && err == OK ==> LinkPath(r, j) in t' && t'[LinkPath(r, j)] == Link(Base(WrittenPath(r, e, j)))
    ensures Phase(r, e, d, React(r, e, l, err), t')
  {
    var l' := React(r, e, l, err);
    var k := l.pc.k;
    if l.pc.RenameAt? {
      assert Reached(e, l', k + 1) == Reached(e, l, k) + {e.order[k]};
    }
  }

  lemma PublishRest(r: Request, e: Env, d: Tree, l: Local, t: Tree, l': Local, t': Tree, j: nat)
    requires Inv(r, e, d, l, t) && PublishPC(l.pc) && j == e.order[l.pc.k]
    requires forall q | q != PublishedPath(r, j) && q != WrittenPath(r, e, j) && q != LinkPath(r, j) :: Same(t', t, q)
    requires Sane(r, e, l') && l'.data == l.data && l'.written == l.written
    requires l'.published == l.published || l'.published == l.published + {j}
    requires ItemState(r, e, d, l', t', j) && Phase(r, e, d, l', t')
    ensures Inv(r, e, d, l', t')
  {
    PublishOthers(r, e, d, l, t, l', t', j);
    LayoutAt(r, e, j);
    FrameKept(r, e, d, t, t', {PublishedPath(r, j), WrittenPath(r, e, j), LinkPath(r, j)});
    assert j in l.written;
  }

  lemma PublishOthers(r: Request, e: Env, d: Tree, l: Local, t: Tree, l': Local, t': Tree, j: nat)
    requires Inv(r, e, d, l, t) && PublishPC(l.pc) && j < |r.items|
    requires forall q | q != PublishedPath(r, j) && q != WrittenPath(r, e, j) && q != LinkPath(r, j) :: Same(t', t, q)
    requires l'.data == l.data && l'.written == l.written
    requires l'.published == l.published || l'.published == l.published + {j}
    ensures forall i | 0 <= i < |r.items| && i != j :: ItemState(r, e, d, l', t', i)
  {
    forall i | 0 <= i < |r.items| && i != j
      ensures ItemState(r, e, d, l', t', i)
    {
      assert ItemState(r, e, d, l, t, i);
      PublishElsewhere(r, e, d, l, t, l', t', j, i);
    }
  }

  lemma InvPublish(r: Request, e: Env, d: Tree, l: Local, t: Tree)
    requires Inv(r, e, d, l, t) && PublishPC(l.pc)
    ensures var (l', t') := CallStep(r, e, l, t); Inv(r, e, d, l', t')
  {
    var (t', err) := Syscall(t, CallAt(r, e, l), e.fault(l.calls));
    PublishItem(r, e, d, l, t);
    PublishEffect(r, e, l, t);
    PublishPhase(r, e, d, l, t, err, t');
    PublishRest(r, e, d, l, t, React(r, e, l, err), t', e.order[l.pc.k]);
  }

  lemma InvStep(r: Request, e: Env, d: Tree, l: Local, t: Tree)
    requires Inv(r, e, d, l, t)
    ensures var (l', t') := Step(r, e, l, t); Inv(r, e, d, l', t')
  {
    if l.pc.Fetch? {
      InvFetch(r, e, d, l, t);
    } else if WritePC(l.pc) {
      InvWrite(r, e, d, l, t);
    } else if PublishPC(l.pc) {
      InvPublish(r, e, d, l, t);
    } else {
      InvSilent(r, e, d, l, t);
    }
  }

  lemma {:induction false} InvAt(r: Request, e: Env, d: Tree, n: nat)
    requires Ready(r, e, d)
    ensures var (l, t) := At(r, e, d, n); Inv(r, e, d, l, t)
  {
    if n == 0 {
      InvInit(r, e, d);
    } else {
      InvAt(r, e, d, n - 1);
      var (l, t) := At(r, e, d, n - 1);
      InvStep(r, e, d, l, t);
    }
  }
}
