/** When a run of Execute succeeds: exactly for which trees, answers and hooks; how often
    its hook runs; and what a run leaves under its timestamped names. */
module Success {
  import opened Disk
  import opened Execution
  import opened Invariant
  import opened Publication
  import opened Exactness

  // ---- the condition ----

  /** No call fails for a reason outside the model. */
  ghost predicate Faultless(e: Env) { forall k: nat :: !e.fault(k) }

  /** A directory with something in it, which remove refuses. */
  predicate Blocked(t: Tree, p: Path) { p in t && t[p].Dir? && Occupied(t, p) }

  /** The directory is there or can be made. */
  predicate Creatable(t: Tree, dir: Path) { if dir in t then t[dir].Dir? else HasParent(t, dir) }

  /** Nothing on the disk is in the way of an item that arrives with a body. */
  predicate Unobstructed(r: Request, e: Env, d: Tree)
    requires WellFormed(r)
  {
    forall j | 0 <= j < |r.items| && Fresh(r, e, d, j) != "" ::
      && Creatable(d, r.dir) && WrittenPath(r, e, j) !in d
      && (e.symlink ==> !Blocked(d, LinkPath(r, j)))
  }

  predicate AllFetched(r: Request, e: Env, d: Tree)
    requires WellFormed(r)
  {
    forall j | 0 <= j < |r.items| :: FetchOk(r, e, d, j)
  }

  /** Every item is answered 304 or 200 in full, nothing is in the way, and the hook, if
      there is one, succeeds. */
  predicate Succeeding(r: Request, e: Env, d: Tree)
    requires WellFormed(r)
  {
    AllFetched(r, e, d) && Unobstructed(r, e, d) && (r.hook ==> e.hookOk)
  }

  // ---- it is needed ----

  predicate Opened(pc: PC, j: nat) { pc == ChmodAt(j) || pc == WriteSome(j) || pc == WriteAll(j) }

  /** The exclusive open has succeeded only where there was nothing. */
  predicate WasFree(r: Request, e: Env, d: Tree, l: Local)
    requires WellFormed(r)
  {
    forall j | 0 <= j < |r.items| && (j in l.written || Opened(l.pc, j)) :: WrittenPath(r, e, j) !in d
  }

  /** A directory made by the run had a parent. */
  predicate WasCreatable(r: Request, d: Tree, t: Tree) {
    r.dir in t && r.dir !in d ==> HasParent(d, r.dir)
  }

  /** What blocks a temporary name stays, and its item is not published by a link. */
  predicate StillBlocked(r: Request, e: Env, d: Tree, l: Local, t: Tree)
    requires WellFormed(r)
  {
    forall j | 0 <= j < |r.items| && Blocked(d, LinkPath(r, j)) ::
      Same(t, d, LinkPath(r, j)) && !(e.symlink && j in l.published)
  }

  predicate HookHeeded(r: Request, e: Env, l: Local) {
    && (l.pc.Lock? || l.pc.Hook? ==> r.hook)
    && (l.pc == Done(true) && r.hook ==> e.hookOk)
  }

  ghost predicate Earned(r: Request, e: Env, d: Tree, l: Local, t: Tree)
    requires WellFormed(r)
  {
    WasFree(r, e, d, l) && WasCreatable(r, d, t) && StillBlocked(r, e, d, l, t) && HookHeeded(r, e, l)
  }

  lemma OpenedBy(r: Request, e: Env, l: Local, t: Tree, j: nat)
    requires WellFormed(r) && Sane(r, e, l) && j < |r.items|
    ensures var l' := Step(r, e, l, t).0;
      j in l'.written || Opened(l'.pc, j) ==>
        j in l.written || Opened(l.pc, j) || (l.pc == OpenAt(j) && WrittenPath(r, e, j) !in t)
  {
  }

  lemma FreeWhenOpened(r: Request, e: Env, d: Tree, l: Local, t: Tree, j: nat)
    requires Inv(r, e, d, l, t) && l.pc == OpenAt(j) && WrittenPath(r, e, j) !in t
    ensures WrittenPath(r, e, j) !in d
  {
    assert ItemState(r, e, d, l, t, j);
  }

  lemma FreeStep(r: Request, e: Env, d: Tree, l: Local, t: Tree, l': Local)
    requires Inv(r, e, d, l, t) && WasFree(r, e, d, l) && l' == Step(r, e, l, t).0
    ensures WasFree(r, e, d, l')
  {
    forall j | 0 <= j < |r.items| && (j in l'.written || Opened(l'.pc, j))
      ensures WrittenPath(r, e, j) !in d
    {
      OpenedBy(r, e, l, t, j);
      if j !in l.written && !Opened(l.pc, j) {
        FreeWhenOpened(r, e, d, l, t, j);
      }
    }
  }

  /** The parent of the domain's directory is no name of the request. */
  lemma BaseUntouched(r: Request, e: Env, d: Tree, t: Tree)
    requires WellFormed(r) && Frame(r, e, d, t)
    ensures Same(t, d, Parent(r.dir))
  {
    var q := Parent(r.dir);
    forall j | 0 <= j < |r.items|
      ensures q != PublishedPath(r, j) && q != WrittenPath(r, e, j) && q != LinkPath(r, j)
    {
      LayoutAt(r, e, j);
    }
    assert !Touches(r, e, q);
  }

  lemma CreatableStep(r: Request, e: Env, d: Tree, l: Local, t: Tree)
    requires Inv(r, e, d, l, t) && WasCreatable(r, d, t)
    ensures WasCreatable(r, d, Step(r, e, l, t).1)
  {
    BaseUntouched(r, e, d, t);
    if Calling(l.pc) && !l.pc.MkdirAt? {
      if WritePC(l.pc) {
        WriteSparesDir(r, e, l);
      } else {
        PublishSparesDir(r, e, l);
      }
      CallFrame(t, CallAt(r, e, l), e.fault(l.calls));
    }
  }

  /** What lies below a temporary name is never touched. */
  lemma OccupiedKept(r: Request, e: Env, d: Tree, t: Tree, j: nat)
    requires WellFormed(r) && Frame(r, e, d, t) && j < |r.items|
    ensures Occupied(t, LinkPath(r, j)) <==> Occupied(d, LinkPath(r, j))
  {
    var p := LinkPath(r, j);
    forall q: Path | q != [] && Parent(q) == p
      ensures Same(t, d, q)
    {
      LayoutAt(r, e, j);
      forall i | 0 <= i < |r.items|
        ensures q != PublishedPath(r, i) && q != WrittenPath(r, e, i) && q != LinkPath(r, i)
      {
        LayoutAt(r, e, i);
      }
      assert !Touches(r, e, q);
    }
  }

  lemma WritingSparesLink(r: Request, e: Env, l: Local, j: nat)
    requires WellFormed(r) && Sane(r, e, l) && WritePC(l.pc) && j < |r.items|
    ensures LinkPath(r, j) !in Paths(CallAt(r, e, l))
  {
    LinkIsNotWritten(r, e, j, l.pc.i);
    assert Paths(CallAt(r, e, l)) <= {r.dir, WrittenPath(r, e, l.pc.i)};
  }

  lemma LinkIsNotWritten(r: Request, e: Env, j: nat, i: nat)
    requires WellFormed(r) && j < |r.items| && i < |r.items|
    ensures LinkPath(r, j) != WrittenPath(r, e, i) && LinkPath(r, j) != r.dir
  {
    LayoutAt(r, e, j);
    if i != j {
      LayoutPair(r, e, i, j);
    }
  }

  lemma OthersSpareLink(r: Request, e: Env, l: Local, j: nat)
    requires WellFormed(r) && Sane(r, e, l) && PublishPC(l.pc) && j < |r.items| && e.order[l.pc.k] != j
    ensures LinkPath(r, j) !in Paths(CallAt(r, e, l))
  {
    LayoutPair(r, e, e.order[l.pc.k], j);
  }

  /** Publishing cannot get past a blocked temporary name of its own. */
  lemma BlockedLink(r: Request, e: Env, d: Tree, l: Local, t: Tree)
    requires Inv(r, e, d, l, t) && PublishPC(l.pc)
    requires var p := LinkPath(r, e.order[l.pc.k]); Blocked(d, p) && Same(t, d, p)
    ensures Same(CallStep(r, e, l, t).1, d, LinkPath(r, e.order[l.pc.k]))
    ensures e.symlink ==> !l.pc.RenameAt?
  {
    var j := e.order[l.pc.k];
    OccupiedKept(r, e, d, t, j);
    LinkCalls(r, e, l);
    if !l.pc.RenameAt? {
      BlockedCall(t, CallAt(r, e, l), e.fault(l.calls), LinkPath(r, j));
    } else {
      CallFrame(t, CallAt(r, e, l), e.fault(l.calls));
    }
  }

  lemma BlockedCall(t: Tree, c: Call, fault: bool, p: Path)
    requires Blocked(t, p) && (c.Remove? || c.Symlink?) && c.path == p
    ensures Syscall(t, c, fault).0 == t
  {
  }

  lemma LinkCalls(r: Request, e: Env, l: Local)
    requires WellFormed(r) && Sane(r, e, l) && PublishPC(l.pc)
    ensures var c, p := CallAt(r, e, l), LinkPath(r, e.order[l.pc.k]);
      if l.pc.RenameAt? then !e.symlink ==> p !in Paths(c) else (c.Remove? || c.Symlink?) && c.path == p
  {
    LayoutAt(r, e, e.order[l.pc.k]);
  }

  lemma BlockedRemains(r: Request, e: Env, d: Tree, l: Local, t: Tree, j: nat)
    requires Inv(r, e, d, l, t) && Calling(l.pc) && j < |r.items|
    requires Blocked(d, LinkPath(r, j)) && Same(t, d, LinkPath(r, j))
    ensures Same(CallStep(r, e, l, t).1, d, LinkPath(r, j))
    ensures e.symlink && PublishPC(l.pc) && e.order[l.pc.k] == j ==> !l.pc.RenameAt?
  {
    if WritePC(l.pc) {
      WritingSparesLink(r, e, l, j);
      CallFrame(t, CallAt(r, e, l), e.fault(l.calls));
    } else if e.order[l.pc.k] != j {
      OthersSpareLink(r, e, l, j);
      CallFrame(t, CallAt(r, e, l), e.fault(l.calls));
    } else {
      BlockedLink(r, e, d, l, t);
    }
  }

  lemma BlockedStep(r: Request, e: Env, d: Tree, l: Local, t: Tree)
    requires Inv(r, e, d, l, t) && StillBlocked(r, e, d, l, t)
    ensures var (l', t') := Step(r, e, l, t); StillBlocked(r, e, d, l', t')
  {
    if Calling(l.pc) {
      var (l', t') := CallStep(r, e, l, t);
      forall j | 0 <= j < |r.items| && Blocked(d, LinkPath(r, j))
        ensures Same(t', d, LinkPath(r, j)) && !(e.symlink && j in l'.published)
      {
        BlockedRemains(r, e, d, l, t, j);
      }
    }
  }

  lemma HeededStep(r: Request, e: Env, l: Local, t: Tree)
    requires WellFormed(r) && Sane(r, e, l) && HookHeeded(r, e, l)
    ensures HookHeeded(r, e, Step(r, e, l, t).0)
  {
  }

  lemma EarnedStep(r: Request, e: Env, d: Tree, l: Local, t: Tree, l': Local, t': Tree)
    requires Inv(r, e, d, l, t) && Earned(r, e, d, l, t) && (l', t') == Step(r, e, l, t)
    ensures Earned(r, e, d, l', t')
  {
    FreeStep(r, e, d, l, t, l');
    CreatableStep(r, e, d, l, t);
    BlockedStep(r, e, d, l, t);
    HeededStep(r, e, l, t);
  }

  ghost predicate EarnedBy(r: Request, e: Env, d: Tree, n: nat)
    requires WellFormed(r) && Permutes(e.order, |r.items|)
  {
    Earned(r, e, d, At(r, e, d, n).0, At(r, e, d, n).1)
  }

  lemma EarnedFirst(r: Request, e: Env, d: Tree)
    requires Ready(r, e, d)
    ensures EarnedBy(r, e, d, 0)
  {
  }

  lemma EarnedNext(r: Request, e: Env, d: Tree, n: nat)
    requires Ready(r, e, d) && EarnedBy(r, e, d, n)
    ensures EarnedBy(r, e, d, n + 1)
  {
    InvAt(r, e, d, n);
    var (l, t) := At(r, e, d, n);
    EarnedStep(r, e, d, l, t, At(r, e, d, n + 1).0, At(r, e, d, n + 1).1);
  }

  lemma {:induction false} EarnedAt(r: Request, e: Env, d: Tree, n: nat)
    requires Ready(r, e, d)
    ensures EarnedBy(r, e, d, n)
  {
    if n == 0 {
      EarnedFirst(r, e, d);
    } else {
      EarnedAt(r, e, d, n - 1);
      EarnedNext(r, e, d, n - 1);
    }
  }

  // ---- it is enough ----

  /** Every fetch went well and every body is published. */
  ghost predicate AllPublished(r: Request, e: Env, d: Tree, l: Local)
    requires WellFormed(r)
  {
    AllFetched(r, e, d) && forall j | 0 <= j < |r.items| && Fresh(r, e, d, j) != "" :: j in l.published
  }

  lemma PublishingOver(r: Request, e: Env, d: Tree, l: Local, t: Tree)
    requires Inv(r, e, d, l, t) && l.pc in {Lock, Hook, Done(true)}
    ensures AllPublished(r, e, d, l)
  {
    forall j | 0 <= j < |r.items| && Fresh(r, e, d, j) != ""
      ensures j in l.published
    {
      PublishedIffFresh(r, e, d, l, t, j);
    }
  }

  lemma HeededAt(r: Request, e: Env, d: Tree, n: nat)
    requires Ready(r, e, d)
    ensures HookHeeded(r, e, At(r, e, d, n).0)
  {
    EarnedAt(r, e, d, n);
  }

  /** Nothing gets published that something is in the way of. */
  lemma PublishedNeeds(r: Request, e: Env, d: Tree, n: nat)
    requires Ready(r, e, d) && AllPublished(r, e, d, At(r, e, d, n).0)
    ensures Unobstructed(r, e, d)
  {
    InvAt(r, e, d, n);
    EarnedAt(r, e, d, n);
    DirMadeAt(r, e, d, n);
  }

  /** No run succeeds without it, whatever fails and whatever the order. */
  lemma SuccessNeeds(r: Request, e: Env, d: Tree, n: nat)
    requires Ready(r, e, d) && At(r, e, d, n).0.pc == Done(true)
    ensures Succeeding(r, e, d)
  {
    InvAt(r, e, d, n);
    HeededAt(r, e, d, n);
    PublishingOver(r, e, d, At(r, e, d, n).0, At(r, e, d, n).1);
    PublishedNeeds(r, e, d, n);
  }

  /** No step of a run that meets the condition has gone wrong. */
  ghost predicate Going(r: Request, e: Env, d: Tree, l: Local, t: Tree)
    requires WellFormed(r) && Sane(r, e, l)
  {
    match l.pc
    case Cleanup(_) => false
    case Done(ok) => AllPublished(r, e, d, l) && (ok || (r.hook && !e.hookOk))
    case LstatAt(_) => r.dir in t
    case OpenAt(_) => IsDir(t, r.dir)
    case SymlinkAt(k) => LinkPath(r, e.order[k]) !in t
    case _ => true
  }

  /** The run makes no directory but the domain's. */
  ghost predicate NoNewDirs(r: Request, d: Tree, t: Tree) {
    forall q | q != r.dir && q in t && t[q].Dir? :: q in d && d[q].Dir?
  }

  lemma NewDirsStep(r: Request, e: Env, d: Tree, l: Local, t: Tree)
    requires WellFormed(r) && Sane(r, e, l) && NoNewDirs(r, d, t)
    ensures NoNewDirs(r, d, Step(r, e, l, t).1)
  {
  }

  ghost predicate Unhindered(r: Request, e: Env, d: Tree)
    requires WellFormed(r)
  {
    Faultless(e) && AllFetched(r, e, d) && Unobstructed(r, e, d)
  }

  lemma FetchGoes(r: Request, e: Env, d: Tree, l: Local, t: Tree)
    requires Inv(r, e, d, l, t) && Unhindered(r, e, d) && l.pc.Fetch?
    ensures Going(r, e, d, Step(r, e, l, t).0, Step(r, e, l, t).1)
  {
    if l.pc.i < |r.items| {
      assert FetchOk(r, e, d, l.pc.i);
    }
  }

  lemma SilentGoes(r: Request, e: Env, d: Tree, l: Local, t: Tree)
    requires Inv(r, e, d, l, t) && Earned(r, e, d, l, t) && Going(r, e, d, l, t) && !l.pc.Fetch? && !Calling(l.pc)
    ensures Going(r, e, d, Step(r, e, l, t).0, Step(r, e, l, t).1)
  {
    if l.pc.Hook? {
      PublishingOver(r, e, d, l, t);
    } else if l.pc.Publish? && l.pc.k == |r.items| {
      PublishedAtLast(r, e, d, l, t);
    }
  }

  lemma PublishedAtLast(r: Request, e: Env, d: Tree, l: Local, t: Tree)
    requires Inv(r, e, d, l, t) && l.pc == Publish(|r.items|)
    ensures AllPublished(r, e, d, Step(r, e, l, t).0)
  {
    var (l', t') := Step(r, e, l, t);
    InvStep(r, e, d, l, t);
    PublishingOver(r, e, d, l', t');
  }

  lemma DirGoes(r: Request, e: Env, d: Tree, l: Local, t: Tree)
    requires Inv(r, e, d, l, t) && Unhindered(r, e, d) && Going(r, e, d, l, t) && (l.pc.MkdirAt? || l.pc.LstatAt?)
    ensures Going(r, e, d, Step(r, e, l, t).0, Step(r, e, l, t).1)
  {
    assert Fresh(r, e, d, l.pc.i) != "";
    BaseUntouched(r, e, d, t);
  }

  lemma NothingThere(r: Request, e: Env, d: Tree, l: Local, t: Tree)
    requires Inv(r, e, d, l, t) && Unhindered(r, e, d) && l.pc.OpenAt?
    ensures WrittenPath(r, e, l.pc.i) !in t
  {
    assert Fresh(r, e, d, l.pc.i) != "";
    assert ItemState(r, e, d, l, t, l.pc.i);
  }

  lemma OpenGoes(r: Request, e: Env, d: Tree, l: Local, t: Tree)
    requires Inv(r, e, d, l, t) && Unhindered(r, e, d) && Going(r, e, d, l, t) && l.pc.OpenAt?
    ensures Going(r, e, d, Step(r, e, l, t).0, Step(r, e, l, t).1)
  {
    NothingThere(r, e, d, l, t);
    LayoutAt(r, e, l.pc.i);
    OpenWorks(t, WrittenPath(r, e, l.pc.i), Mode(r.items[l.pc.i]), e.wrote(l.pc.i));
  }

  lemma OpenWorks(t: Tree, p: Path, mode: nat, now: nat)
    requires p !in t && HasParent(t, p)
    ensures Perform(t, OpenExcl(p, mode, now)).1 == OK
  {
  }

  lemma ContentGoes(r: Request, e: Env, d: Tree, l: Local, t: Tree)
    requires Inv(r, e, d, l, t) && Unhindered(r, e, d) && (l.pc.ChmodAt? || l.pc.WriteSome? || l.pc.WriteAll?)
    ensures Going(r, e, d, Step(r, e, l, t).0, Step(r, e, l, t).1)
  {
  }

  lemma RemoveGoes(r: Request, e: Env, d: Tree, l: Local, t: Tree)
    requires Inv(r, e, d, l, t) && Unhindered(r, e, d) && NoNewDirs(r, d, t) && l.pc.RemoveTmp?
    ensures Going(r, e, d, Step(r, e, l, t).0, Step(r, e, l, t).1)
  {
    var j := e.order[l.pc.k];
    assert Fresh(r, e, d, j) != "";
    OccupiedKept(r, e, d, t, j);
    LayoutAt(r, e, j);
  }

  lemma SymlinkGoes(r: Request, e: Env, d: Tree, l: Local, t: Tree)
    requires Inv(r, e, d, l, t) && Unhindered(r, e, d) && Going(r, e, d, l, t) && DirMade(r, l, t) && l.pc.SymlinkAt?
    ensures Going(r, e, d, Step(r, e, l, t).0, Step(r, e, l, t).1)
  {
    LayoutAt(r, e, e.order[l.pc.k]);
    assert e.order[l.pc.k] in l.written;
  }

  lemma NotYetPublished(r: Request, e: Env, d: Tree, l: Local, t: Tree)
    requires Inv(r, e, d, l, t) && PublishPC(l.pc)
    ensures e.order[l.pc.k] in l.written && e.order[l.pc.k] !in l.published
    ensures Fresh(r, e, d, e.order[l.pc.k]) != ""
  {
  }

  /** A rename onto a published name in the directory, from a file or a link. */
  lemma RenameWorks(t: Tree, src: Path, dst: Path)
    requires src in t && !t[src].Dir? && HasParent(t, dst) && (dst in t ==> !t[dst].Dir?)
    ensures Perform(t, Rename(src, dst)).1 == OK
  {
  }

  lemma SourceThere(r: Request, e: Env, d: Tree, l: Local, t: Tree)
    requires Inv(r, e, d, l, t) && DirMade(r, l, t) && l.pc.RenameAt?
    ensures var Rename(src, dst) := CallAt(r, e, l);
      src in t && !t[src].Dir? && HasParent(t, dst) && (dst in t ==> !t[dst].Dir?)
  {
    var j := e.order[l.pc.k];
    NotYetPublished(r, e, d, l, t);
    LayoutAt(r, e, j);
    assert ItemState(r, e, d, l, t, j);
    assert EntryOk(r, d, j);
  }

  lemma RenameGoes(r: Request, e: Env, d: Tree, l: Local, t: Tree)
    requires Inv(r, e, d, l, t) && Unhindered(r, e, d) && DirMade(r, l, t) && l.pc.RenameAt?
    ensures Going(r, e, d, Step(r, e, l, t).0, Step(r, e, l, t).1)
  {
    var c := CallAt(r, e, l);
    SourceThere(r, e, d, l, t);
    RenameWorks(t, c.src, c.dst);
  }

  lemma WriteGoes(r: Request, e: Env, d: Tree, l: Local, t: Tree)
    requires Inv(r, e, d, l, t) && Unhindered(r, e, d) && Going(r, e, d, l, t) && WritePC(l.pc)
    ensures Going(r, e, d, Step(r, e, l, t).0, Step(r, e, l, t).1)
  {
    if l.pc.MkdirAt? || l.pc.LstatAt? {
      DirGoes(r, e, d, l, t);
    } else if l.pc.OpenAt? {
      OpenGoes(r, e, d, l, t);
    } else {
      ContentGoes(r, e, d, l, t);
    }
  }

  lemma PublishGoes(r: Request, e: Env, d: Tree, l: Local, t: Tree)
    requires Inv(r, e, d, l, t) && DirMade(r, l, t) && NoNewDirs(r, d, t)
    requires Unhindered(r, e, d) && Going(r, e, d, l, t) && PublishPC(l.pc)
    ensures Going(r, e, d, Step(r, e, l, t).0, Step(r, e, l, t).1)
  {
    if l.pc.RemoveTmp? {
      RemoveGoes(r, e, d, l, t);
    } else if l.pc.SymlinkAt? {
      SymlinkGoes(r, e, d, l, t);
    } else {
      RenameGoes(r, e, d, l, t);
    }
  }

  lemma GoingStep(r: Request, e: Env, d: Tree, l: Local, t: Tree, l': Local, t': Tree)
    requires Inv(r, e, d, l, t) && Earned(r, e, d, l, t) && DirMade(r, l, t) && NoNewDirs(r, d, t)
    requires Unhindered(r, e, d) && Going(r, e, d, l, t) && (l', t') == Step(r, e, l, t)
    ensures Going(r, e, d, l', t') && NoNewDirs(r, d, t')
  {
    NewDirsStep(r, e, d, l, t);
    if l.pc.Fetch? {
      FetchGoes(r, e, d, l, t);
    } else if WritePC(l.pc) {
      WriteGoes(r, e, d, l, t);
    } else if PublishPC(l.pc) {
      PublishGoes(r, e, d, l, t);
    } else {
      SilentGoes(r, e, d, l, t);
    }
  }

  ghost predicate OnCourse(r: Request, e: Env, d: Tree, n: nat)
    requires WellFormed(r) && Permutes(e.order, |r.items|)
  {
    Going(r, e, d, At(r, e, d, n).0, At(r, e, d, n).1) && NoNewDirs(r, d, At(r, e, d, n).1)
  }

  lemma OnCourseFirst(r: Request, e: Env, d: Tree)
    requires Ready(r, e, d)
    ensures OnCourse(r, e, d, 0)
  {
  }

  lemma OnCourseNext(r: Request, e: Env, d: Tree, n: nat)
    requires Ready(r, e, d) && Unhindered(r, e, d) && OnCourse(r, e, d, n)
    ensures OnCourse(r, e, d, n + 1)
  {
    InvAt(r, e, d, n);
    EarnedAt(r, e, d, n);
    DirMadeAt(r, e, d, n);
    var (l, t) := At(r, e, d, n);
    GoingStep(r, e, d, l, t, At(r, e, d, n + 1).0, At(r, e, d, n + 1).1);
  }

  lemma {:induction false} OnCourseAt(r: Request, e: Env, d: Tree, n: nat)
    requires Ready(r, e, d) && Unhindered(r, e, d)
    ensures OnCourse(r, e, d, n)
  {
    if n == 0 {
      OnCourseFirst(r, e, d);
    } else {
      OnCourseAt(r, e, d, n - 1);
      OnCourseNext(r, e, d, n - 1);
    }
  }

  /** A run in which no call fails for a reason outside the program succeeds if and only if
      every item is answered 304 or 200 in full, nothing on the disk is in the way of those
      with a body, and the hook is absent or succeeds. */
  lemma SucceedsIff(r: Request, e: Env, d: Tree, n: nat)
    requires Ready(r, e, d) && Faultless(e) && n >= Bound(r)
    ensures At(r, e, d, n).0.pc == Done(Succeeding(r, e, d))
  {
    Terminates(r, e, d, n);
    if At(r, e, d, n).0.pc.ok {
      SuccessNeeds(r, e, d, n);
    } else if Succeeding(r, e, d) {
      OnCourseAt(r, e, d, n);
    }
  }

  // ---- the hook ----

  /** How often the domain's hook has been run to its end. */
  function HookRuns(r: Request, e: Env, d: Tree, n: nat): nat
    requires WellFormed(r) && Permutes(e.order, |r.items|)
  {
    if n == 0 then 0
    else HookRuns(r, e, d, n - 1) + if At(r, e, d, n - 1).0.pc.Hook? then 1 else 0
  }

  /** The hook's count, before and after the run's end. */
  ghost predicate Hooked(r: Request, e: Env, d: Tree, l: Local, runs: nat)
    requires WellFormed(r)
  {
    runs == if l.pc.Done? && r.hook && AllPublished(r, e, d, l) then 1 else 0
  }

  ghost predicate HookedBy(r: Request, e: Env, d: Tree, n: nat)
    requires WellFormed(r) && Permutes(e.order, |r.items|)
  {
    Hooked(r, e, d, At(r, e, d, n).0, HookRuns(r, e, d, n))
  }

  /** A run that fails before its hook has not published everything. */
  lemma FailsUnpublished(r: Request, e: Env, d: Tree, l: Local, t: Tree)
    requires Inv(r, e, d, l, t) && !l.pc.Hook? && !l.pc.Done? && Step(r, e, l, t).0.pc == Done(false)
    ensures !AllPublished(r, e, d, Step(r, e, l, t).0)
  {
    if l.pc.Fetch? {
      assert !FetchOk(r, e, d, l.pc.i);
    } else if PublishPC(l.pc) {
      NotYetPublished(r, e, d, l, t);
    } else {
      assert l.pc.Cleanup? && Fresh(r, e, d, l.pc.i) != "";
    }
  }

  lemma HookEnds(r: Request, e: Env, d: Tree, l: Local, t: Tree)
    requires Inv(r, e, d, l, t) && l.pc.Hook?
    ensures var l' := Step(r, e, l, t).0; l'.pc.Done? && AllPublished(r, e, d, l')
  {
    PublishingOver(r, e, d, l, t);
    assert Step(r, e, l, t).0 == l.(pc := Done(e.hookOk));
  }

  lemma EndsWithoutHook(r: Request, e: Env, l: Local, t: Tree)
    requires WellFormed(r) && Sane(r, e, l) && !l.pc.Hook? && !l.pc.Done?
    ensures Step(r, e, l, t).0.pc == Done(true) ==> !r.hook
  {
  }

  lemma HookedStep(r: Request, e: Env, d: Tree, l: Local, t: Tree, runs: nat, l': Local)
    requires Inv(r, e, d, l, t) && HookHeeded(r, e, l) && Hooked(r, e, d, l, runs) && l' == Step(r, e, l, t).0
    ensures Hooked(r, e, d, l', runs + if l.pc.Hook? then 1 else 0)
  {
    if l.pc.Hook? {
      HookEnds(r, e, d, l, t);
    } else if l.pc.Done? {
      assert l' == l;
    } else if l'.pc == Done(false) {
      FailsUnpublished(r, e, d, l, t);
    } else {
      EndsWithoutHook(r, e, l, t);
    }
  }

  lemma HookedNext(r: Request, e: Env, d: Tree, n: nat)
    requires Ready(r, e, d) && HookedBy(r, e, d, n)
    ensures HookedBy(r, e, d, n + 1)
  {
    InvAt(r, e, d, n);
    HeededAt(r, e, d, n);
    var (l, t) := At(r, e, d, n);
    HookedStep(r, e, d, l, t, HookRuns(r, e, d, n), At(r, e, d, n + 1).0);
  }

  lemma HookedFirst(r: Request, e: Env, d: Tree)
    requires Ready(r, e, d)
    ensures HookedBy(r, e, d, 0)
  {
  }

  lemma {:induction false} HookedAt(r: Request, e: Env, d: Tree, n: nat)
    requires Ready(r, e, d)
    ensures HookedBy(r, e, d, n)
  {
    if n == 0 {
      HookedFirst(r, e, d);
    } else {
      HookedAt(r, e, d, n - 1);
      HookedNext(r, e, d, n - 1);
    }
  }

  /** Whatever fails, the hook of a finished run has been run exactly once if there is one
      and everything fetched is published, and never otherwise; a successful run has been
      through it, and has the hook's own outcome. */
  lemma HookRunsOnce(r: Request, e: Env, d: Tree, n: nat)
    requires Ready(r, e, d) && At(r, e, d, n).0.pc.Done?
    ensures HookRuns(r, e, d, n) == if r.hook && AllPublished(r, e, d, At(r, e, d, n).0) then 1 else 0
    ensures At(r, e, d, n).0.pc.ok && r.hook ==> HookRuns(r, e, d, n) == 1 && e.hookOk
  {
    HookedAt(r, e, d, n);
    if At(r, e, d, n).0.pc.ok {
      InvAt(r, e, d, n);
      HeededAt(r, e, d, n);
      PublishingOver(r, e, d, At(r, e, d, n).0, At(r, e, d, n).1);
    }
  }

  /** In a run in which no call fails for a reason outside the program that is: if every
      item is answered and nothing on the disk is in the way. */
  lemma HookRunsIff(r: Request, e: Env, d: Tree, n: nat)
    requires Ready(r, e, d) && Faultless(e) && n >= Bound(r)
    ensures HookRuns(r, e, d, n) == if r.hook && AllFetched(r, e, d) && Unobstructed(r, e, d) then 1 else 0
  {
    Terminates(r, e, d, n);
    HookRunsOnce(r, e, d, n);
    if AllFetched(r, e, d) && Unobstructed(r, e, d) {
      OnCourseAt(r, e, d, n);
    } else if HookRuns(r, e, d, n) > 0 {
      PublishedNeeds(r, e, d, n);
    }
  }

  // ---- what is left under the timestamped names ----

  /** What is at item j's timestamped name is its complete file, or was there before, or
      the call made last was a clean-up that failed. */
  predicate Tidy(r: Request, e: Env, d: Tree, l: Local, t: Tree, j: nat)
    requires WellFormed(r) && j < |r.items|
  {
    var x := WrittenPath(r, e, j);
    l.pc.Done? && x in t && x !in d ==>
      t[x] == Finished(r, e, j, Fresh(r, e, d, j)) || (l.calls > 0 && e.fault(l.calls - 1))
  }

  lemma CleanupTidies(r: Request, e: Env, d: Tree, l: Local, t: Tree)
    requires Inv(r, e, d, l, t) && l.pc.Cleanup?
    ensures var (l', t') := CallStep(r, e, l, t); Tidy(r, e, d, l', t', l.pc.i)
  {
    assert ItemState(r, e, d, l, t, l.pc.i);
    LayoutAt(r, e, l.pc.i);
  }

  /** Unless it is being worked on an item's timestamped file is complete. */
  lemma RestIsTidy(r: Request, e: Env, d: Tree, l: Local, t: Tree, l': Local, t': Tree, j: nat)
    requires WellFormed(r) && |l.data| == |l'.data| == |r.items| && j < |r.items|
    requires ItemState(r, e, d, l, t, j) && !Working(l.pc, j) && l.pc != Done(false)
    requires ItemState(r, e, d, l', t', j) && l'.written == l.written
    requires j !in l.written ==> Same(t', t, WrittenPath(r, e, j))
    ensures Tidy(r, e, d, l', t', j)
  {
  }

  lemma EndKeepsWritten(r: Request, e: Env, d: Tree, l: Local, t: Tree, j: nat)
    requires Inv(r, e, d, l, t) && Calling(l.pc) && j < |r.items| && j !in l.written
    requires l.pc.Cleanup? ==> l.pc.i != j
    requires l.pc.Cleanup? || PublishPC(l.pc)
    ensures Same(CallStep(r, e, l, t).1, t, WrittenPath(r, e, j))
  {
    CallFrame(t, CallAt(r, e, l), e.fault(l.calls));
    if l.pc.Cleanup? {
      LayoutPair(r, e, l.pc.i, j);
    } else {
      NotYetPublished(r, e, d, l, t);
      LayoutPair(r, e, e.order[l.pc.k], j);
    }
  }

  lemma EndsBy(r: Request, e: Env, l: Local, t: Tree)
    requires WellFormed(r) && Sane(r, e, l) && !l.pc.Done? && Step(r, e, l, t).0.pc.Done?
    ensures Calling(l.pc) ==> l.pc.Cleanup? || PublishPC(l.pc)
    ensures Step(r, e, l, t).0.written == l.written && (!Calling(l.pc) ==> Step(r, e, l, t).1 == t)
  {
  }

  lemma TidyEnd(r: Request, e: Env, d: Tree, l: Local, t: Tree, j: nat)
    requires Inv(r, e, d, l, t) && !l.pc.Done? && j < |r.items|
    ensures var (l', t') := Step(r, e, l, t); Tidy(r, e, d, l', t', j)
  {
    var (l', t') := Step(r, e, l, t);
    if l'.pc.Done? {
      EndsBy(r, e, l, t);
      if l.pc == Cleanup(j) {
        CleanupTidies(r, e, d, l, t);
      } else {
        InvStep(r, e, d, l, t);
        assert ItemState(r, e, d, l, t, j) && ItemState(r, e, d, l', t', j);
        if Calling(l.pc) && j !in l.written {
          EndKeepsWritten(r, e, d, l, t, j);
        }
        RestIsTidy(r, e, d, l, t, l', t', j);
      }
    }
  }

  lemma {:induction false} TidyAt(r: Request, e: Env, d: Tree, n: nat, j: nat)
    requires Ready(r, e, d) && j < |r.items|
    ensures Tidy(r, e, d, At(r, e, d, n).0, At(r, e, d, n).1, j)
  {
    if n > 0 {
      TidyAt(r, e, d, n - 1, j);
      InvAt(r, e, d, n - 1);
      var (l, t) := At(r, e, d, n - 1);
      if l.pc.Done? {
        Settled(r, e, d, n - 1, n);
      } else {
        TidyEnd(r, e, d, l, t, j);
      }
    }
  }

  /** A run that has ended leaves no partial file: what it created under a timestamped name
      is complete, unless the clean-up after a failed write failed itself. */
  lemma NoPartialLeft(r: Request, e: Env, d: Tree, n: nat, j: nat)
    requires Ready(r, e, d) && j < |r.items| && WrittenPath(r, e, j) !in d
    requires At(r, e, d, n).0.pc.Done? && WrittenPath(r, e, j) in At(r, e, d, n).1
    ensures var (l, t) := At(r, e, d, n);
      || t[WrittenPath(r, e, j)] == Finished(r, e, j, Fresh(r, e, d, j))
      || (l.pc == Done(false) && l.calls > 0 && e.fault(l.calls - 1))
  {
    TidyAt(r, e, d, n, j);
    InvAt(r, e, d, n);
    assert ItemState(r, e, d, At(r, e, d, n).0, At(r, e, d, n).1, j);
  }
}
